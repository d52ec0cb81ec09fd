/** The consumer's code as runs of the machine: every call to a shared object is one step, and
    between two steps the other goroutines take any number of theirs. */
module ConsumerCode {
  import T = Tracker
  import opened Consumer
  import opened Traces

  /** What the fetch loop's select found. */
  datatype Select = Room | Cancelled | Blocked

  datatype Turn = Again | Stopped | Held

  datatype Result = Done(finished: bool) | StillRunning

  /** The steps process takes for worker w. */
  predicate Inside(st: Step, w: nat) {
    (st.Begin? || st.Abandon? || st.HandlerOk? || st.HandlerErr? || st.Publish? || st.PublishOk? || st.PublishErr?) && st.w == w
  }

  predicate Ready(work: Work, cancelled: bool, st: Step) {
    match st
    case Begin(_) => work.Try? && !cancelled
    case Abandon(_) => (work.Try? || work.TryDLQ?) && cancelled
    case HandlerOk(_) => work.Running?
    case HandlerErr(_) => work.Running?
    case Publish(_) => work.TryDLQ? && !cancelled
    case PublishOk(_) => work.Publishing?
    case PublishErr(_, _) => work.Publishing?
    case _ => false
  }

  function WorkAfter(cfg: Config, work: Work, st: Step): Work {
    match st
    case Begin(_) => if work.Try? then Running(work.m, work.attempt) else work
    case Abandon(_) => Idle
    case HandlerOk(_) => if work.Running? then Finished(work.m) else work
    case HandlerErr(_) =>
      if !work.Running? then work
      else if work.attempt < cfg.maxAttempts || !cfg.dlq then Try(work.m, work.attempt + 1) else TryDLQ(work.m)
    case Publish(_) => if work.TryDLQ? then Publishing(work.m) else work
    case PublishOk(_) => if work.Publishing? then Finished(work.m) else work
    case PublishErr(_, _) => if work.Publishing? then TryDLQ(work.m) else work
    case _ => work
  }

  // ── the steps each piece of code takes itself ──

  function ByWorker(w: nat): Step -> bool {
    (st: Step) => (st.Receive? || st.Leave? || st.MarkDone? || Inside(st, w)) && st.w == w
  }

  function ByCommitter(): Step -> bool {
    (st: Step) => st.Tick? || st.CommitOk? || st.CommitErr? || st.Settle? || st.Final?
  }

  /** What answer i makes process do: a run of the handler, or, past maxAttempts with a dead-letter
      topic, a publish. */
  function AnswerSteps(cfg: Config, w: nat, i: nat, ok: bool, delivered: bool): seq<Step> {
    if i < cfg.maxAttempts || !cfg.dlq then [Begin(w), if ok then HandlerOk(w) else HandlerErr(w)]
    else [Publish(w), if ok then PublishOk(w) else PublishErr(w, delivered)]
  }

  function AnswersSteps(cfg: Config, w: nat, answers: seq<bool>, delivered: bool): seq<Step> {
    if answers == [] then []
    else AnswersSteps(cfg, w, answers[..|answers| - 1], delivered)
         + AnswerSteps(cfg, w, |answers| - 1, answers[|answers| - 1], delivered)
  }

  /** How process ends with n answers used: at the first good one, given up after as many bad ones,
      or still running when there are no more. */
  predicate EndsWith(answers: seq<bool>, n: nat, r: Result) {
    n <= |answers| && match r
      case Done(true) => n > 0 && answers[n - 1] && forall i :: 0 <= i < n - 1 ==> !answers[i]
      case Done(false) => forall i :: 0 <= i < n ==> !answers[i]
      case StillRunning => n == |answers| && forall i :: 0 <= i < n ==> !answers[i]
  }

  function ProcessSteps(cfg: Config, w: nat, answers: seq<bool>, delivered: bool, n: nat, r: Result): seq<Step>
    requires n <= |answers|
  {
    AnswersSteps(cfg, w, answers[..n], delivered) + if r == Done(false) then [Abandon(w)] else []
  }

  /** Each answer is a run of the handler as long as attempts are left, then a publish. */
  lemma {:induction false} AnswersAre(cfg: Config, w: nat, answers: seq<bool>, delivered: bool)
    ensures |AnswersSteps(cfg, w, answers, delivered)| == 2 * |answers|
    ensures forall i :: 0 <= i < |answers| ==>
      AnswersSteps(cfg, w, answers, delivered)[2 * i] == if i < cfg.maxAttempts || !cfg.dlq then Begin(w) else Publish(w)
  {
    if answers != [] {
      AnswersAre(cfg, w, answers[..|answers| - 1], delivered);
    }
  }

  lemma Tries(cfg: Config, w: nat, answers: seq<bool>, delivered: bool, n: nat, r: Result, mine: seq<Step>)
    requires n <= |answers|
    ensures var all := mine + ProcessSteps(cfg, w, answers, delivered, n, r);
      |all| >= |mine| + 2 * n && forall i :: 0 <= i < n ==> all[|mine| + 2 * i] == if i < cfg.maxAttempts || !cfg.dlq then Begin(w) else Publish(w)
  {
    hide AnswersSteps;
    AnswersAre(cfg, w, answers[..n], delivered);
    var steps := AnswersSteps(cfg, w, answers[..n], delivered);
    var all := mine + ProcessSteps(cfg, w, answers, delivered, n, r);
    forall i | 0 <= i < n ensures all[|mine| + 2 * i] == if i < cfg.maxAttempts || !cfg.dlq then Begin(w) else Publish(w) {
      assert all[|mine| + 2 * i] == steps[2 * i];
    }
  }

  lemma EndsMeans(answers: seq<bool>, n: nat, r: Result)
    requires EndsWith(answers, n, r)
    ensures n <= |answers| && forall i :: 0 <= i < n ==> (answers[i] <==> r == Done(true) && i == n - 1)
    ensures (r == Done(true) ==> n > 0) && (r == StillRunning ==> n == |answers|)
  {
  }

  lemma AnswersOn(cfg: Config, w: nat, answers: seq<bool>, delivered: bool, n: nat)
    requires n < |answers|
    ensures AnswersSteps(cfg, w, answers[..n + 1], delivered)
         == AnswersSteps(cfg, w, answers[..n], delivered) + AnswerSteps(cfg, w, n, answers[n], delivered)
  {
    assert answers[..n + 1][..n] == answers[..n];
  }

  predicate AcceptedAt(accepted: seq<bool>, i: nat) { i < |accepted| && accepted[i] }

  /** The commit calls of the first n positions. */
  function CallsSteps(accepted: seq<bool>, applied: bool, n: nat): seq<Step> {
    if n == 0 then []
    else CallsSteps(accepted, applied, n - 1) + [if AcceptedAt(accepted, n - 1) then CommitOk else CommitErr(applied)]
  }

  function CommitSteps(todo: seq<T.Position>, final: bool, accepted: seq<bool>, applied: bool): seq<Step> {
    [if final then Final(todo) else Tick(todo)] + (CallsSteps(accepted, applied, |todo|) + [Settle])
  }

  // ── what the committer may rely on ──

  /** The broker's position and the committed mark of p stay, its ready mark only grows. */
  ghost predicate Kept(s: State, s': State, p: T.Part) {
    BrokerAt(s', p) == BrokerAt(s, p) && T.StateOf(s'.parts, p).committed == T.StateOf(s.parts, p).committed
    && T.StateOf(s'.parts, p).ready >= T.StateOf(s.parts, p).ready
  }

  /** A position handed out ends in the broker, or due again at the same offset or a higher one. */
  ghost predicate Resolved(s: State, pos: T.Position, accepted: bool) {
    if accepted then BrokerAt(s, pos.part) == pos.offset
    else T.StateOf(s.parts, pos.part).committed < pos.offset <= T.StateOf(s.parts, pos.part).ready
  }

  lemma StepKeeps(cfg: Config, s: State, st: Step, p: T.Part)
    requires Inv(cfg, s) && Enabled(cfg, s, st) && !ByCommitter()(st)
    ensures var s' := Next(cfg, s, st); Kept(s, s', p) && s'.committer == s.committer && s'.clean == s.clean
  {
    var s' := Next(cfg, s, st);
    if st.MarkDone? {
      assert LinkedAt(s, p);
      MarkLinked(cfg, s, st.w, p);
    } else {
      CommitFrame(cfg, s, st, s');
    }
  }

  lemma StepInv(cfg: Config, s: State, st: Step)
    requires cfg.Valid() && Inv(cfg, s) && Enabled(cfg, s, st)
    ensures Inv(cfg, Next(cfg, s, st))
  {
    hide Inv, Next, Enabled;
    assert [st][1..] == [] && Runs(cfg, Next(cfg, s, st), []);
    assert End(cfg, s, [st]) == End(cfg, Next(cfg, s, st), []) == Next(cfg, s, st);
    RunInv(cfg, s, [st]);
  }

  /** Any run of the others does: this is what OthersBesidesCommitter stands for. */
  lemma {:induction false} OthersKeep(cfg: Config, s: State, steps: seq<Step>, p: T.Part)
    requires cfg.Valid() && Inv(cfg, s) && Runs(cfg, s, steps) && forall st :: st in steps ==> !ByCommitter()(st)
    ensures var s' := End(cfg, s, steps); Kept(s, s', p) && s'.committer == s.committer && s'.clean == s.clean
    decreases |steps|
  {
    if steps != [] {
      assert steps[0] in steps;
      StepKeeps(cfg, s, steps[0], p);
      StepInv(cfg, s, steps[0]);
      hide Next, Enabled, Inv, ByCommitter;
      OthersKeep(cfg, Next(cfg, s, steps[0]), steps[1..], p);
    }
  }

  lemma AllResolved(s: State, todo: seq<T.Position>, accepted: seq<bool>)
    requires forall i :: 0 <= i < |todo| ==> Resolved(s, todo[i], AcceptedAt(accepted, i))
    ensures forall i :: 0 <= i < |todo| ==>
      if i < |accepted| && accepted[i] then BrokerAt(s, todo[i].part) == todo[i].offset
      else T.StateOf(s.parts, todo[i].part).committed < todo[i].offset <= T.StateOf(s.parts, todo[i].part).ready
  {
    forall i | 0 <= i < |todo|
      ensures if i < |accepted| && accepted[i] then BrokerAt(s, todo[i].part) == todo[i].offset
              else T.StateOf(s.parts, todo[i].part).committed < todo[i].offset <= T.StateOf(s.parts, todo[i].part).ready
    {
      assert Resolved(s, todo[i], AcceptedAt(accepted, i));
    }
  }

  lemma ResolvedStays(s: State, s': State, pos: T.Position, accepted: bool)
    requires Resolved(s, pos, accepted) && Kept(s, s', pos.part)
    ensures Resolved(s', pos, accepted)
  {
  }

  /** The position whose turn it is is the committed mark of its partition. */
  lemma TurnIsMarked(cfg: Config, s: State, pos: T.Position)
    requires Inv(cfg, s) && s.committer.Committing? && s.committer.todo != [] && s.committer.todo[0] == pos
    ensures T.StateOf(s.parts, pos.part).committed == pos.offset <= T.StateOf(s.parts, pos.part).ready
  {
    assert CommitAt(s, pos.part) && pos in Pending(s);
  }

  predicate AllAccepted(accepted: seq<bool>, n: nat) {
    n <= |accepted| && forall i :: 0 <= i < n ==> accepted[i]
  }

  class Runtime {
    const cfg: Config
    const tracker: T.Tracker
    var cancelled: bool
    ghost var s: State
    ghost var trace: seq<Step>

    /** The shared state is what some run of the machine reaches. */
    ghost predicate Reached() reads this {
      cfg.Valid() && Runs(cfg, Init(cfg), trace) && s == End(cfg, Init(cfg), trace)
    }

    ghost predicate Valid() reads this, tracker {
      Reached() && tracker.parts == s.parts && cancelled == s.cancelled
    }

    /** The steps worker w, and the committer, took so far. */
    ghost function Mine(w: nat): seq<Step> reads this { Own(trace, ByWorker(w)) }

    ghost function Commits(): seq<Step> reads this { Own(trace, ByCommitter()) }

    constructor (cfg: Config)
      requires cfg.Valid()
      ensures Valid() && fresh(tracker) && this.cfg == cfg && s == Init(cfg)
    {
      this.cfg := cfg;
      tracker := new T.Tracker();
      cancelled := false;
      s, trace := Init(cfg), [];
    }

    ghost method Do(st: Step)
      requires Reached() && Enabled(cfg, s, st)
      modifies this`s, this`trace
      ensures Reached() && s == Next(cfg, old(s), st) && trace == old(trace) + [st]
      ensures forall w: nat :: Mine(w) == old(Mine(w)) + if ByWorker(w)(st) then [st] else []
      ensures Commits() == old(Commits()) + if ByCommitter()(st) then [st] else []
    {
      RunsOn(cfg, Init(cfg), trace, st);
      OwnSnoc(trace, st, ByCommitter());
      forall w: nat ensures Own(trace + [st], ByWorker(w)) == Own(trace, ByWorker(w)) + if ByWorker(w)(st) then [st] else [] {
        OwnSnoc(trace, st, ByWorker(w));
      }
      s := Next(cfg, s, st);
      trace := trace + [st];
    }

    /** A step of the fetch loop that leaves the tracker alone. */
    ghost method Loop(st: Step)
      requires Valid() && Enabled(cfg, s, st) && (st.Send? || st.Drop? || st.Check? || st.FetchFail? || st.Close?)
      modifies this`s, this`trace
      ensures Valid() && old(trace) <= trace && s.fetched == old(s).fetched
      ensures s.loop == match st
        case Send => Checking
        case Drop => Checking
        case Check => if cancelled then Ended else Fetching
        case FetchFail => Ended
        case _ => Closed
    {
      Do(st);
    }

    /** A step of worker w inside process. */
    ghost method Work(w: nat, st: Step)
      requires Valid() && Inside(st, w) && Ready(WorkOf(s, w), cancelled, st)
      modifies this`s, this`trace
      ensures Valid() && old(trace) <= trace
      ensures WorkOf(s, w) == WorkAfter(cfg, WorkOf(old(s), w), st)
      ensures WorkOf(s, w).Finished? ==> WorkOf(s, w).m in s.lanes[w].finished
      ensures st.Abandon? ==> w < |s.lanes| && WorkOf(old(s), w).m in s.lanes[w].lost
      ensures Mine(w) == old(Mine(w)) + [st]
    {
      hide Runs, End, Own;
      Do(st);
    }

    /** Everyone but worker w moves. */
    method OthersBesides(w: nat)
      requires Valid()
      modifies this, tracker
      ensures Valid() && old(trace) <= trace && WorkOf(s, w) == WorkOf(old(s), w) && Mine(w) == old(Mine(w))
      ensures old(cancelled) ==> cancelled
    {
    }

    /** Everyone but the committer moves. */
    method OthersBesidesCommitter()
      requires Valid()
      modifies this, tracker
      ensures Valid() && old(trace) <= trace && s.committer == old(s).committer && s.clean == old(s).clean
      ensures Commits() == old(Commits()) && forall p :: Kept(old(s), s, p)
    {
    }

    /** Everyone but the fetch loop moves. */
    method OthersBesidesFetcher()
      requires Valid()
      modifies this, tracker
      ensures Valid() && old(trace) <= trace && s.loop == old(s).loop && s.fetched == old(s).fetched
      ensures old(cancelled) ==> cancelled
    {
    }

    /** The select of the fetch loop: room in the worker's queue, cancellation, or neither yet. */
    method AwaitRoom() returns (c: Select)
      requires Valid() && s.loop.Sending?
      modifies this, tracker
      ensures Valid() && old(trace) <= trace && s.loop == old(s).loop && s.fetched == old(s).fetched
      ensures (c == Room ==> Enabled(cfg, s, Send)) && (c == Cancelled ==> cancelled)
    {
      c := Blocked;
    }

    /** One turn of the fetch loop: a message is tracked before any worker can finish it, then waits
        for room in its worker's queue; Stopped only after cancellation. */
    method FetchOne(m: Msg) returns (turn: Turn)
      requires Valid() && Enabled(cfg, s, Step.Fetch(m))
      modifies this, tracker
      ensures Valid() && old(trace) <= trace && s.fetched == old(s).fetched + [m]
      ensures match turn
        case Again => s.loop == Fetching
        case Stopped => s.loop == Ended && cancelled
        case Held => s.loop == Sending(m)
    {
      hide Runs, End;
      tracker.Track(m.part, m.offset);
      Do(Step.Fetch(m));
      hide Next, Enabled;
      var c := AwaitRoom();
      if c == Blocked {
        return Held;
      }
      SelectEnabled(cfg, s, c, cancelled);
      Loop(if c == Room then Send else Drop);
      OthersBesidesFetcher();
      CheckEnabled(cfg, s);
      Loop(Check);
      turn := if cancelled then Stopped else Again;
    }

    /** The fetch loop until the source fails or the context is cancelled: every message received is
        tracked, in order, and the queues are closed behind the last one. */
    method FetchLoop(source: seq<Msg>) returns (turn: Turn)
      requires Valid() && s.loop == Fetching && forall m :: m in source ==> m.offset >= 0
      requires forall i, j :: 0 <= i < j < |source| && source[i].part == source[j].part ==> source[i].offset < source[j].offset
      requires forall x, m :: x in s.fetched && m in source && x.part == m.part ==> x.offset < m.offset
      modifies this, tracker
      ensures Valid() && old(trace) <= trace && s.fetched <= old(s).fetched + source && old(s).fetched <= s.fetched
      ensures turn == Stopped ==> s.loop == Closed && (cancelled || s.fetched == old(s).fetched + source)
      ensures turn != Stopped ==> s.loop.Sending?
    {
      hide Runs, End, Next, Enabled;
      ghost var before := s.fetched;
      for i := 0 to |source|
        invariant Valid() && old(trace) <= trace && s.loop == Fetching && s.fetched == before + source[..i]
      {
        OthersBesidesFetcher();
        NextIsNew(cfg, s, before, source, i);
        turn := FetchOne(source[i]);
        assert before + source[..i] + [source[i]] == before + source[..i + 1];
        assert before + source[..i + 1] <= before + source;
        if turn == Held {
          return;
        }
        if turn == Stopped {
          EndEnabled(cfg, s);
          Loop(Close);
          return;
        }
      }
      assert source[..|source|] == source;
      OthersBesidesFetcher();
      EndEnabled(cfg, s);
      Loop(FetchFail);
      EndEnabled(cfg, s);
      Loop(Close);
      turn := Stopped;
    }

    /** Where process stands before answer n. */
    function AtAnswer(m: Msg, n: nat): Consumer.Work {
      if n < cfg.maxAttempts || !cfg.dlq then Try(m, n + 1) else TryDLQ(m)
    }

    // ── worker w's steps inside process ──

    ghost method GiveUp(w: nat, m: Msg)
      requires Valid() && cancelled && (WorkOf(s, w).Try? || WorkOf(s, w).TryDLQ?) && WorkOf(s, w).m == m
      modifies this`s, this`trace
      ensures Valid() && old(trace) <= trace && Outcome(w, m, Done(false)) && Mine(w) == old(Mine(w)) + [Abandon(w)]
    {
      hide Runs, End, Own, Next, Enabled;
      Work(w, Abandon(w));
    }

    ghost method StartTry(w: nat, m: Msg, n: nat)
      requires Valid() && !cancelled && WorkOf(s, w) == Try(m, n + 1)
      modifies this`s, this`trace
      ensures Valid() && old(trace) <= trace && WorkOf(s, w) == Running(m, n + 1) && Mine(w) == old(Mine(w)) + [Begin(w)]
    {
      hide Runs, End, Own, Next, Enabled;
      Work(w, Begin(w));
    }

    ghost method EndTry(w: nat, m: Msg, n: nat, ok: bool)
      requires Valid() && WorkOf(s, w) == Running(m, n + 1) && (n < cfg.maxAttempts || !cfg.dlq)
      modifies this`s, this`trace
      ensures Valid() && old(trace) <= trace && Mine(w) == old(Mine(w)) + [if ok then HandlerOk(w) else HandlerErr(w)]
      ensures if ok then Outcome(w, m, Done(true)) else WorkOf(s, w) == AtAnswer(m, n + 1)
    {
      hide Runs, End, Own, Next, Enabled;
      Work(w, if ok then HandlerOk(w) else HandlerErr(w));
    }

    ghost method StartPark(w: nat, m: Msg)
      requires Valid() && !cancelled && WorkOf(s, w) == TryDLQ(m)
      modifies this`s, this`trace
      ensures Valid() && old(trace) <= trace && WorkOf(s, w) == Publishing(m) && Mine(w) == old(Mine(w)) + [Publish(w)]
    {
      hide Runs, End, Own, Next, Enabled;
      Work(w, Publish(w));
    }

    ghost method EndPark(w: nat, m: Msg, ok: bool, delivered: bool)
      requires Valid() && WorkOf(s, w) == Publishing(m)
      modifies this`s, this`trace
      ensures Valid() && old(trace) <= trace && Mine(w) == old(Mine(w)) + [if ok then PublishOk(w) else PublishErr(w, delivered)]
      ensures if ok then Outcome(w, m, Done(true)) else WorkOf(s, w) == TryDLQ(m)
    {
      hide Runs, End, Own, Next, Enabled;
      Work(w, if ok then PublishOk(w) else PublishErr(w, delivered));
    }

    /** One turn of the attempt loop, for attempt n + 1. */
    method AttemptOnce(w: nat, m: Msg, n: nat, ok: bool, ghost delivered: bool) returns (r: Result)
      requires Valid() && (n < cfg.maxAttempts || !cfg.dlq) && WorkOf(s, w) == AtAnswer(m, n)
      modifies this, tracker
      ensures Valid() && old(trace) <= trace && Outcome(w, m, r) && (r != Done(false) ==> (r == Done(true) <==> ok))
      ensures Mine(w) == old(Mine(w)) + if r == Done(false) then [Abandon(w)] else AnswerSteps(cfg, w, n, ok, delivered)
      ensures r == StillRunning ==> WorkOf(s, w) == AtAnswer(m, n + 1)
    {
      hide Runs, End, Next, Enabled, Own, WorkOf, ByWorker;
      OthersBesides(w);
      if cancelled {
        GiveUp(w, m);
        return Done(false);
      }
      StartTry(w, m, n);
      OthersBesides(w);
      EndTry(w, m, n, ok);
      r := if ok then Done(true) else StillRunning;
    }

    /** One turn of the dead-letter loop; a refused publish may have been delivered. */
    method ParkOnce(w: nat, m: Msg, ghost n: nat, ok: bool, delivered: bool) returns (r: Result)
      requires Valid() && n >= cfg.maxAttempts && cfg.dlq && WorkOf(s, w) == AtAnswer(m, n)
      modifies this, tracker
      ensures Valid() && old(trace) <= trace && Outcome(w, m, r) && (r != Done(false) ==> (r == Done(true) <==> ok))
      ensures Mine(w) == old(Mine(w)) + if r == Done(false) then [Abandon(w)] else AnswerSteps(cfg, w, n, ok, delivered)
      ensures r == StillRunning ==> WorkOf(s, w) == AtAnswer(m, n + 1)
    {
      hide Runs, End, Next, Enabled, Own, WorkOf, ByWorker;
      OthersBesides(w);
      if cancelled {
        GiveUp(w, m);
        return Done(false);
      }
      StartPark(w, m);
      OthersBesides(w);
      EndPark(w, m, ok, delivered);
      r := if ok then Done(true) else StillRunning;
    }

    /** What the caller of process may conclude from its answer. */
    ghost predicate Outcome(w: nat, m: Msg, r: Result) reads this {
      match r
      case Done(true) => WorkOf(s, w) == Finished(m) && m in s.lanes[w].finished
      case Done(false) => cancelled && w < |s.lanes| && WorkOf(s, w) == Idle && m in s.lanes[w].lost
      case StillRunning => true
    }

    /** process: at most maxAttempts runs of the handler, then the dead-letter topic until the
        publish is acknowledged; gives up only when cancelled. answers is what handler and broker
        reply, n how many of them were used; the call is still running only when they ran out. */
    method Process(w: nat, m: Msg, answers: seq<bool>, delivered: bool) returns (r: Result, n: nat)
      requires Valid() && WorkOf(s, w) == Try(m, 1)
      modifies this, tracker
      ensures Valid() && old(trace) <= trace && Outcome(w, m, r)
      ensures n <= |answers| && forall i :: 0 <= i < n ==> (answers[i] <==> r == Done(true) && i == n - 1)
      ensures (r == Done(true) ==> n > 0) && (r == Done(false) ==> cancelled) && (r == StillRunning ==> n == |answers|)
      ensures Mine(w) == old(Mine(w)) + ProcessSteps(cfg, w, answers, delivered, n, r)
      ensures |Mine(w)| >= |old(Mine(w))| + 2 * n && forall i :: 0 <= i < n ==>
        Mine(w)[|old(Mine(w))| + 2 * i] == if i < cfg.maxAttempts || !cfg.dlq then Begin(w) else Publish(w)
    {
      r, n := Answer(w, m, answers, delivered);
      hide Own, ByWorker, ProcessSteps;
      EndsMeans(answers, n, r);
      Tries(cfg, w, answers, delivered, n, r, old(Mine(w)));
    }

    /** The two loops. */
    method Answer(w: nat, m: Msg, answers: seq<bool>, delivered: bool) returns (r: Result, n: nat)
      requires Valid() && WorkOf(s, w) == Try(m, 1)
      modifies this, tracker
      ensures Valid() && old(trace) <= trace && Outcome(w, m, r) && EndsWith(answers, n, r)
      ensures Mine(w) == old(Mine(w)) + ProcessSteps(cfg, w, answers, delivered, n, r)
    {
      hide Runs, End, Next, Enabled, Own, ByWorker, Inside, AnswerSteps, AnswersSteps, WorkOf;
      ghost var mine := Mine(w);
      n := 0;
      NoAnswers(w, delivered);
      assert answers[..0] == [];
      while (n < cfg.maxAttempts || !cfg.dlq) && n < |answers|
        invariant Valid() && old(trace) <= trace && n <= |answers| && WorkOf(s, w) == AtAnswer(m, n)
        invariant Mine(w) == mine + AnswersSteps(cfg, w, answers[..n], delivered) && forall i :: 0 <= i < n ==> !answers[i]
        decreases |answers| - n
      {
        StepsOn(mine, w, answers, delivered, n);
        r := AttemptOnce(w, m, n, answers[n], delivered);
        if r == Done(false) {
          return;
        }
        n := n + 1;
        if r == Done(true) {
          return;
        }
      }
      while n < |answers|
        invariant Valid() && old(trace) <= trace && n <= |answers| && WorkOf(s, w) == AtAnswer(m, n)
        invariant n < |answers| ==> n >= cfg.maxAttempts && cfg.dlq
        invariant Mine(w) == mine + AnswersSteps(cfg, w, answers[..n], delivered) && forall i :: 0 <= i < n ==> !answers[i]
        decreases |answers| - n
      {
        StepsOn(mine, w, answers, delivered, n);
        r := ParkOnce(w, m, n, answers[n], delivered);
        if r == Done(false) {
          return;
        }
        n := n + 1;
        if r == Done(true) {
          return;
        }
      }
      r := StillRunning;
    }

    lemma NoAnswers(w: nat, delivered: bool)
      ensures AnswersSteps(cfg, w, [], delivered) == []
    {
    }

    lemma StepsOn(mine: seq<Step>, w: nat, answers: seq<bool>, delivered: bool, n: nat)
      requires n < |answers|
      ensures mine + AnswersSteps(cfg, w, answers[..n + 1], delivered)
           == mine + AnswersSteps(cfg, w, answers[..n], delivered) + AnswerSteps(cfg, w, n, answers[n], delivered)
      ensures mine + ProcessSteps(cfg, w, answers, delivered, n, Done(false)) == mine + AnswersSteps(cfg, w, answers[..n], delivered) + [Abandon(w)]
    {
      hide AnswersSteps, AnswerSteps;
      AnswersOn(cfg, w, answers, delivered, n);
      Assoc(mine, AnswersSteps(cfg, w, answers[..n], delivered), AnswerSteps(cfg, w, n, answers[n], delivered));
      Assoc(mine, AnswersSteps(cfg, w, answers[..n], delivered), [Abandon(w)]);
    }

    /** One turn of a worker's loop: m is what it received from its queue. */
    method WorkOne(w: nat, m: Msg, answers: seq<bool>, delivered: bool) returns (r: Result, n: nat)
      requires Valid() && Enabled(cfg, s, Receive(w)) && s.lanes[w].queue[0] == m
      modifies this, tracker
      ensures Valid() && old(trace) <= trace
      ensures n <= |answers| && forall i :: 0 <= i < n ==> (answers[i] <==> r == Done(true) && i == n - 1)
      ensures (r == Done(true) ==> n > 0) && (r == StillRunning ==> n == |answers|)
      ensures r == Done(true) ==> Pos(m) in s.marked && WorkOf(s, w) == Idle
      ensures r == Done(false) ==> cancelled && w < |s.lanes| && m in s.lanes[w].lost && WorkOf(s, w) == Idle
      ensures Mine(w) == old(Mine(w)) + [Receive(w)] + ProcessSteps(cfg, w, answers, delivered, n, r) + if r == Done(true) then [MarkDone(w)] else []
    {
      hide Own, ProcessSteps, Runs, End, Next, Enabled, ByWorker;
      Take(w, m);
      r, n := Process(w, m, answers, delivered);
      if r == Done(true) {
        tracker.Done(m.part, m.offset);
        Mark(w, m);
      }
    }

    ghost method Take(w: nat, m: Msg)
      requires Valid() && Enabled(cfg, s, Receive(w)) && s.lanes[w].queue[0] == m
      modifies this`s, this`trace
      ensures Valid() && old(trace) <= trace && WorkOf(s, w) == Try(m, 1) && Mine(w) == old(Mine(w)) + [Receive(w)]
    {
      hide Runs, End, Own;
      Do(Receive(w));
    }

    /** The mark, once the tracker has it. */
    ghost method Mark(w: nat, m: Msg)
      requires Reached() && cancelled == s.cancelled && WorkOf(s, w) == Finished(m)
      requires tracker.parts == s.parts[m.part := T.DoneIn(T.StateOf(s.parts, m.part), m.offset)]
      modifies this`s, this`trace
      ensures Valid() && old(trace) <= trace && Pos(m) in s.marked && WorkOf(s, w) == Idle && Mine(w) == old(Mine(w)) + [MarkDone(w)]
    {
      hide Runs, End, Own;
      Do(MarkDone(w));
    }

    ghost method CommitStep(st: Step)
      requires Reached() && (st == CommitOk || st.CommitErr?) && Enabled(cfg, s, st)
      modifies this`s, this`trace
      ensures Reached() && old(trace) <= trace && s.cancelled == old(s).cancelled && Commits() == old(Commits()) + [st]
      ensures s.committer == old(s).committer.(todo := old(s).committer.todo[1..])
      ensures s.clean == (old(s).clean && st == CommitOk)
      ensures var pos := old(s).committer.todo[0];
        s.parts == if st == CommitOk then old(s).parts
                   else old(s).parts[pos.part := T.RewindIn(T.StateOf(old(s).parts, pos.part), pos.offset)]
      ensures var pos := old(s).committer.todo[0];
        s.broker == if st == CommitOk || st.applied then old(s).broker[pos.part := pos.offset] else old(s).broker
    {
      hide Runs, End, Own;
      Do(st);
    }

    method CommitOne(pos: T.Position, accepted: bool, applied: bool)
      requires Valid() && s.committer.Committing? && s.committer.todo != [] && s.committer.todo[0] == pos
      modifies this, tracker
      ensures Valid() && old(trace) <= trace
      ensures s.committer == old(s).committer.(todo := old(s).committer.todo[1..]) && s.clean == (old(s).clean && accepted)
      ensures Commits() == old(Commits()) + [if accepted then CommitOk else CommitErr(applied)]
      ensures Resolved(s, pos, accepted) && forall p :: p != pos.part ==> Kept(old(s), s, p)
    {
      hide Runs, End, Own, Next, Inv, ByCommitter;
      ghost var before := s;
      OthersBesidesCommitter();
      ghost var mid := s;
      InitInv(cfg);
      RunInv(cfg, Init(cfg), trace);
      TurnIsMarked(cfg, s, pos);
      if accepted {
        CommitStep(CommitOk);
      } else {
        tracker.Rewind(pos);
        CommitStep(CommitErr(applied));
      }
      forall p | p != pos.part ensures Kept(before, s, p) {
        assert Kept(before, mid, p);
      }
    }

    /** The loop of commit over what Committable handed out. */
    method CommitAll(todo: seq<T.Position>, ghost final: bool, accepted: seq<bool>, applied: bool)
      requires Valid() && s.committer == Committing(todo, final)
      requires forall i, j :: 0 <= i < j < |todo| ==> todo[i].part != todo[j].part
      modifies this, tracker
      ensures Valid() && old(trace) <= trace && s.committer == if final then Returned else Waiting
      ensures s.clean <==> old(s).clean && AllAccepted(accepted, |todo|)
      ensures Commits() == old(Commits()) + (CallsSteps(accepted, applied, |todo|) + [Settle])
      ensures forall i :: 0 <= i < |todo| ==> Resolved(s, todo[i], AcceptedAt(accepted, i))
    {
      hide Runs, End, Own, Resolved, Kept, ByCommitter;
      ghost var mine := Commits();
      assert todo[0..] == todo;
      for i := 0 to |todo|
        invariant Valid() && old(trace) <= trace && s.committer == Committing(todo[i..], final)
        invariant s.clean <==> old(s).clean && AllAccepted(accepted, i)
        invariant Commits() == mine + CallsSteps(accepted, applied, i)
        invariant forall j :: 0 <= j < i ==> Resolved(s, todo[j], AcceptedAt(accepted, j))
      {
        assert todo[i..][1..] == todo[i + 1..];
        ghost var before := s;
        CommitOne(todo[i], i < |accepted| && accepted[i], applied);
        Assoc(mine, CallsSteps(accepted, applied, i), [if AcceptedAt(accepted, i) then CommitOk else CommitErr(applied)]);
        forall j | 0 <= j < i ensures Resolved(s, todo[j], AcceptedAt(accepted, j)) {
          ResolvedStays(before, s, todo[j], AcceptedAt(accepted, j));
        }
      }
      ghost var before := s;
      SettleAll(final);
      Assoc(mine, CallsSteps(accepted, applied, |todo|), [Settle]);
      forall j | 0 <= j < |todo| ensures Resolved(s, todo[j], AcceptedAt(accepted, j)) {
        ResolvedStays(before, s, todo[j], AcceptedAt(accepted, j));
      }
    }

    ghost method SettleAll(final: bool)
      requires Valid() && s.committer == Committing([], final)
      modifies this`s, this`trace
      ensures Valid() && trace == old(trace) + [Settle] && s.committer == if final then Returned else Waiting
      ensures s.clean == old(s).clean && Commits() == old(Commits()) + [Settle] && forall p :: Kept(old(s), s, p)
    {
      hide Runs, End, Own;
      Do(Settle);
    }

    /** Committable, and the step it is. */
    method Offer(final: bool) returns (todo: seq<T.Position>)
      requires Valid() && s.committer == Waiting
      requires final ==> s.loop == Closed && forall w :: 0 <= w < |s.lanes| ==> s.lanes[w].work == Exited
      modifies this, tracker
      ensures Valid() && old(trace) <= trace && Listing(todo, old(s).parts) && s.committer == Committing(todo, final)
      ensures s.clean == (final || old(s).clean)
      ensures Commits() == old(Commits()) + [if final then Final(todo) else Tick(todo)]
    {
      hide Runs, End, Own;
      todo := tracker.Committable();
      PositionsAreListing(todo, s.parts);
      Do(if final then Final(todo) else Tick(todo));
    }

    /** commit: asks for the commit of every position that is due, in order; each is then in the
        broker, or due again because its commit was refused. */
    method Commit(accepted: seq<bool>, applied: bool) returns (todo: seq<T.Position>)
      requires Valid() && s.committer == Waiting
      modifies this, tracker
      ensures Valid() && old(trace) <= trace && s.committer == Waiting && Listing(todo, old(s).parts)
      ensures Commits() == old(Commits()) + CommitSteps(todo, false, accepted, applied)
      ensures forall i :: 0 <= i < |todo| ==>
        if i < |accepted| && accepted[i] then BrokerAt(s, todo[i].part) == todo[i].offset
        else T.StateOf(s.parts, todo[i].part).committed < todo[i].offset <= T.StateOf(s.parts, todo[i].part).ready
    {
      hide Runs, End, Own, Resolved, ByCommitter, Next, Enabled;
      ghost var mine := Commits();
      todo := Offer(false);
      CommitAll(todo, false, accepted, applied);
      AllResolved(s, todo, accepted);
      Assoc(mine, [Tick(todo)], CallsSteps(accepted, applied, |todo|) + [Settle]);
    }

    /** The end of Run, once the queues are closed and the workers gone: one more commit. When all
        its calls are accepted, each committed offset is the end of the longest finished prefix. */
    method FinalCommit(accepted: seq<bool>, applied: bool) returns (todo: seq<T.Position>)
      requires Valid() && s.committer == Waiting && s.loop == Closed && forall w :: 0 <= w < |s.lanes| ==> s.lanes[w].work == Exited
      modifies this, tracker
      ensures Valid() && old(trace) <= trace && s.committer == Returned && Listing(todo, old(s).parts)
      ensures Commits() == old(Commits()) + CommitSteps(todo, true, accepted, applied)
      ensures forall i :: 0 <= i < |todo| ==>
        if i < |accepted| && accepted[i] then BrokerAt(s, todo[i].part) == todo[i].offset
        else T.StateOf(s.parts, todo[i].part).committed < todo[i].offset <= T.StateOf(s.parts, todo[i].part).ready
      ensures |accepted| >= |todo| && (forall i :: 0 <= i < |todo| ==> accepted[i]) ==>
        forall p :: BrokerAt(s, p) == T.EndOfPrefix(Offsets(s.fetched, p), FinishedSet(cfg, s, p))
    {
      hide Runs, End, Own, Resolved, ByCommitter, Next, Enabled;
      ghost var mine := Commits();
      todo := Offer(true);
      CommitAll(todo, true, accepted, applied);
      AllResolved(s, todo, accepted);
      Assoc(mine, [Final(todo)], CallsSteps(accepted, applied, |todo|) + [Settle]);
      if s.clean {
        forall p ensures BrokerAt(s, p) == T.EndOfPrefix(Offsets(s.fetched, p), FinishedSet(cfg, s, p)) {
          FinalCommitExact(cfg, trace, p);
        }
      }
    }
  }

  lemma SelectEnabled(cfg: Config, s: State, c: Select, cancelled: bool)
    requires s.loop.Sending? && (c == Room ==> Enabled(cfg, s, Send)) && (c == Cancelled ==> cancelled) && s.cancelled == cancelled && c != Blocked
    ensures Enabled(cfg, s, if c == Room then Send else Drop)
  {
  }

  lemma CheckEnabled(cfg: Config, s: State)
    requires s.loop == Checking
    ensures Enabled(cfg, s, Check)
  {
  }

  lemma EndEnabled(cfg: Config, s: State)
    ensures (s.loop == Ended ==> Enabled(cfg, s, Close)) && (s.loop == Fetching ==> Enabled(cfg, s, FetchFail))
  {
  }

  lemma NextIsNew(cfg: Config, s: State, before: seq<Msg>, source: seq<Msg>, i: nat)
    requires i < |source| && s.loop == Fetching && s.fetched == before + source[..i] && source[i].offset >= 0
    requires forall a, b :: 0 <= a < b < |source| && source[a].part == source[b].part ==> source[a].offset < source[b].offset
    requires forall x, m :: x in before && m in source && x.part == m.part ==> x.offset < m.offset
    ensures Enabled(cfg, s, Step.Fetch(source[i]))
  {
    forall x | x in s.fetched && x.part == source[i].part ensures x.offset < source[i].offset {
      if x !in before {
        var a :| 0 <= a < i && source[a] == x;
      }
    }
  }

  lemma PositionsAreListing(todo: seq<T.Position>, parts: map<T.Part, T.PartState>)
    requires T.Sorted(todo)
    requires forall x :: x in todo <==> x.part in parts && T.Due(parts[x.part]) && x.offset == parts[x.part].ready
    ensures Listing(todo, parts)
  {
    forall i, j | 0 <= i < j < |todo| ensures todo[i].part != todo[j].part {
      assert todo[i] in todo && todo[j] in todo;
      T.BeforeIrreflexive(todo[i], todo[j]);
    }
  }

  lemma {:induction false} RunsOn(cfg: Config, s: State, steps: seq<Step>, st: Step)
    requires Runs(cfg, s, steps) && Enabled(cfg, End(cfg, s, steps), st)
    ensures Runs(cfg, s, steps + [st]) && End(cfg, s, steps + [st]) == Next(cfg, End(cfg, s, steps), st)
    decreases |steps|
  {
    if steps == [] {
      assert [st][1..] == [];
    } else {
      assert (steps + [st])[1..] == steps[1..] + [st];
      RunsOn(cfg, Next(cfg, s, steps[0]), steps[1..], st);
    }
  }
}
